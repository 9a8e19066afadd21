/**
  The Si7021 driver. The first half of the module gives the meaning of each
  driver operation as a function of the driver's fields and the bus script:
  what it returns, what its fields become, what is left of the script and what
  it asks of the bus. The lemmas state the driver's properties on those
  functions. The class `Si7021` at the end is the driver itself, whose methods
  are proved to behave as the functions say.
 */
module Si7021Driver {
  import opened Si7021Defs
  import opened I2cBus
  import opened Si7021Decode

  /** Power-on value of user register 1; `begin` takes any other value as "no sensor". */
  const USER_REG_DEFAULT: byte := 0x3A
  /** Bus clock `begin` configures, in Hz. */
  const I2C_BAUDRATE: nat := 100000
  /** Time the sensor needs after a reset, in ms. */
  const RESET_DELAY_MS: nat := 50
  /** Worst-case humidity conversion time in no-hold mode, in ms. */
  const HUMIDITY_DELAY_MS: nat := 20
  /** Length of an electronic-ID reply: four data bytes, each followed by a CRC byte. */
  const ID_REPLY_LEN: nat := 8

  /** The driver's mutable fields. */
  datatype Fields = Fields(model: SensorType, revision: byte, sernumA: u32, sernumB: u32)

  /** The fields as the constructor leaves them. */
  const INITIAL_FIELDS := Fields(Model7021, 0, 0, 0)

  /** The outcome of one driver operation: its return value, the new fields, the unused script and the bus requests made. */
  datatype Run<T> = Run(value: T, fields: Fields, rest: seq<Step>, events: seq<Event>)

  // ---------------------------------------------------------------------------
  // The operations, as functions of the fields and the script
  // ---------------------------------------------------------------------------

  /** `_readRegister8`: one combined transaction that sends the register number and reads one byte; 0 when it fails. */
  function RunReadRegister8(f: Fields, reg: byte, script: seq<Step>): (run: Run<byte>)
    ensures run.fields == f && run.rest == Advance(script)
    ensures run.events == [WriteRead([reg], 1)]
    ensures Delivered(Next(script), 1).None? ==> run.value == 0
    ensures Delivered(Next(script), 1).Some? ==> run.value == Next(script).bytes[0]
  {
    var reply := Delivered(Next(script), 1);
    Run(if reply.Some? then reply.value[0] else 0, f, Advance(script), [WriteRead([reg], 1)])
  }

  /**
    `_readSerialNumber`: reads the first ID half into `sernumA`, then the second
    into `sernumB`, and derives the model from the second. A failed transfer ends
    the operation and keeps whatever it has not yet written.
   */
  function RunReadSerialNumber(f: Fields, script: seq<Step>): (run: Run<()>)
    ensures run.fields.revision == f.revision
    ensures 1 <= |run.events| <= 2 && run.events[0] == WriteRead(CommandBytes(ID1_CMD), ID_REPLY_LEN)
    ensures |run.events| == 1 <==> Delivered(Next(script), ID_REPLY_LEN).None?
    ensures |run.events| == 2 ==> run.events[1] == WriteRead(CommandBytes(ID2_CMD), ID_REPLY_LEN)
    ensures run.rest == if |run.events| == 1 then Advance(script) else Advance(Advance(script))
  {
    var id1 := Delivered(Next(script), ID_REPLY_LEN);
    var rest1 := Advance(script);
    var events1 := [WriteRead(CommandBytes(ID1_CMD), ID_REPLY_LEN)];
    if id1.None? then Run((), f, rest1, events1)
    else
      var a := PackSerial(id1.value);
      var id2 := Delivered(Next(rest1), ID_REPLY_LEN);
      var rest2 := Advance(rest1);
      var events2 := events1 + [WriteRead(CommandBytes(ID2_CMD), ID_REPLY_LEN)];
      if id2.None? then Run((), f.(sernumA := a), rest2, events2)
      else
        var b := PackSerial(id2.value);
        Run((), f.(sernumA := a, sernumB := b, model := DecodeModel(TopByte(b))), rest2, events2)
  }

  /** `_readRevision`: reads the revision reply and decodes its first byte; a failed transfer changes nothing. */
  function RunReadRevision(f: Fields, script: seq<Step>): (run: Run<()>)
    ensures run.fields.model == f.model && run.fields.sernumA == f.sernumA && run.fields.sernumB == f.sernumB
    ensures f.revision <= 2 ==> run.fields.revision <= 2
    ensures run.rest == Advance(script) && run.events == [WriteRead(CommandBytes(FIRMVERS_CMD), 2)]
  {
    var reply := Delivered(Next(script), 2);
    var f' := if reply.Some? then f.(revision := DecodeRevision(reply.value[0])) else f;
    Run((), f', Advance(script), [WriteRead(CommandBytes(FIRMVERS_CMD), 2)])
  }

  /**
    `begin`: starts the bus, sets address and clock, and probes user register 1.
    When the probe answers the power-on value it reads the serial number and the
    revision and reports success, whatever those reads do.
   */
  function RunBegin(f: Fields, addr: byte, script: seq<Step>): (run: Run<bool>)
    ensures !run.value ==> run.fields == f
    ensures run.value <==>
      Next(script).Ok? && RunReadRegister8(f, READRHT_REG_CMD, Advance(script)).value == USER_REG_DEFAULT
    ensures f.revision <= 2 ==> run.fields.revision <= 2
  {
    if !Next(script).Ok? then Run(false, f, Advance(script), [I2cBegin])
    else
      var setup := [I2cBegin, SetAddress(addr), SetBaudrate(I2C_BAUDRATE)];
      var probe := RunReadRegister8(f, READRHT_REG_CMD, Advance(script));
      if probe.value != USER_REG_DEFAULT then Run(false, f, probe.rest, setup + probe.events)
      else
        var serial := RunReadSerialNumber(f, probe.rest);
        var rev := RunReadRevision(serial.fields, serial.rest);
        Run(true, rev.fields, rev.rest, setup + probe.events + (serial.events + rev.events))
  }

  /** `reset`: writes the reset command and, when the write succeeds, waits for the sensor to restart. */
  function RunReset(f: Fields, addr: byte, script: seq<Step>): (run: Run<()>)
    ensures run.fields == f && run.rest == Advance(script)
    ensures run.events == [SetAddress(addr), Write([RESET_CMD])] + (if Next(script).Ok? then [Delay(RESET_DELAY_MS)] else [])
  {
    var events := [SetAddress(addr), Write([RESET_CMD])];
    Run((), f, Advance(script), if Next(script).Ok? then events + [Delay(RESET_DELAY_MS)] else events)
  }

  /**
    `readHumi`: writes the no-hold humidity command, waits for the conversion and
    reads two data bytes and a CRC byte; the CRC byte is not checked.
   */
  function RunReadHumi(f: Fields, addr: byte, script: seq<Step>): (run: Run<Reading>)
    ensures run.fields == f
    ensures run.value.Value? ==> -6.0 <= run.value.value <= 100.0
    ensures run.value.Value? <==> Next(script).Ok? && Delivered(Next(Advance(script)), 3).Some?
    ensures run.events == [SetAddress(addr), Write([MEASRH_NOHOLD_CMD])] +
      (if Next(script).Ok? then [Delay(HUMIDITY_DELAY_MS), Read(3)] else [])
    ensures run.rest == if Next(script).Ok? then Advance(Advance(script)) else Advance(script)
    ensures run.value.Value? ==>
      var reply := Next(Advance(script)).bytes; run.value == Value(Humidity(RawWord(reply[0], reply[1])))
  {
    var setup := [SetAddress(addr), Write([MEASRH_NOHOLD_CMD])];
    if !Next(script).Ok? then Run(TransportError, f, Advance(script), setup)
    else
      var rest := Advance(script);
      var reply := Delivered(Next(rest), 3);
      var events := setup + [Delay(HUMIDITY_DELAY_MS), Read(3)];
      if reply.None? then Run(TransportError, f, Advance(rest), events)
      else Run(Value(Humidity(RawWord(reply.value[0], reply.value[1]))), f, Advance(rest), events)
  }

  /** `readTemp`: sends the read-previous-temperature command and reads two bytes in one combined transaction. */
  function RunReadTemp(f: Fields, addr: byte, script: seq<Step>): (run: Run<Reading>)
    ensures run.fields == f && run.rest == Advance(script)
    ensures run.events == [SetAddress(addr), WriteRead([READPREVTEMP_CMD], 2)]
    ensures run.value.Value? <==> Delivered(Next(script), 2).Some?
    ensures run.value.Value? ==>
      var reply := Next(script).bytes; run.value == Value(Temperature(RawWord(reply[0], reply[1])))
  {
    var reply := Delivered(Next(script), 2);
    var events := [SetAddress(addr), WriteRead([READPREVTEMP_CMD], 2)];
    if reply.None? then Run(TransportError, f, Advance(script), events)
    else Run(Value(Temperature(RawWord(reply.value[0], reply.value[1]))), f, Advance(script), events)
  }

  // ---------------------------------------------------------------------------
  // Properties
  // ---------------------------------------------------------------------------

  /** The top byte of a packed serial half, which the model decode reads, is byte 0 of its reply. */
  lemma ModelFromSerial(reply: seq<byte>)
    requires |reply| == ID_REPLY_LEN
    ensures TopByte(PackSerial(reply)) == reply[0]
  {
  }

  /** A failed probe transfer yields 0, which is not the power-on value, so `begin` fails without touching the fields. */
  lemma BeginFailsOnFailedProbe(f: Fields, addr: byte, script: seq<Step>)
    requires Delivered(Next(Advance(script)), 1).None?
    ensures var run := RunBegin(f, addr, script); !run.value && run.fields == f
  {
  }

  /** A probe answering anything but 0x3A makes `begin` fail without touching the fields. */
  lemma BeginFailsOnWrongProbe(f: Fields, addr: byte, script: seq<Step>, answer: byte)
    requires Next(script).Ok? && Next(Advance(script)) == Ok([answer]) && answer != USER_REG_DEFAULT
    ensures var run := RunBegin(f, addr, script);
      !run.value && run.fields == f &&
      run.events == [I2cBegin, SetAddress(addr), SetBaudrate(I2C_BAUDRATE), WriteRead([READRHT_REG_CMD], 1)]
  {
  }

  /**
    Once the probe passes, `begin` succeeds even when the first ID read fails: the
    serial fields and model keep their values and the revision read is still made.
   */
  lemma BeginReadsRevisionAfterFailedId(f: Fields, addr: byte, script: seq<Step>)
    requires Next(script).Ok? && Next(Advance(script)) == Ok([USER_REG_DEFAULT])
    requires Delivered(Next(Advance(Advance(script))), ID_REPLY_LEN).None?
    ensures var run := RunBegin(f, addr, script);
      run.value &&
      run.fields.model == f.model && run.fields.sernumA == f.sernumA && run.fields.sernumB == f.sernumB &&
      run.events == [I2cBegin, SetAddress(addr), SetBaudrate(I2C_BAUDRATE), WriteRead([READRHT_REG_CMD], 1),
                     WriteRead([0xFA, 0x0F], ID_REPLY_LEN), WriteRead([0x84, 0xB8], 2)]
  {
    CommandEncodings();
  }

  /** Whatever the identity reads do, a successful `begin` ends with the revision read. */
  lemma BeginEndsWithRevisionRead(f: Fields, addr: byte, script: seq<Step>)
    ensures var run := RunBegin(f, addr, script);
      run.value ==> |run.events| >= 6 && run.events[|run.events| - 1] == WriteRead([0x84, 0xB8], 2)
  {
    CommandEncodings();
  }

  /**
    On every bus, once the bus starts and the probe answers 0x3A, `begin` succeeds
    and each field keeps its value unless the transfer that sets it delivered:
    `sernumA` from the ID1 reply, `sernumB` and the model from the ID2 reply (read
    only after ID1 succeeded), and the revision from the revision reply, which is
    the step after the last ID transfer made.
   */
  lemma {:induction false} BeginDiscoversIdentity(f: Fields, addr: byte, script: seq<Step>)
    requires Next(script).Ok? && Next(Advance(script)) == Ok([USER_REG_DEFAULT])
    ensures var run := RunBegin(f, addr, script);
      var s := Advance(Advance(script));
      var id1 := Delivered(Next(s), ID_REPLY_LEN);
      var id2 := Delivered(Next(Advance(s)), ID_REPLY_LEN);
      var rev := Delivered(if id1.None? then Next(Advance(s)) else Next(Advance(Advance(s))), 2);
      run.value &&
      run.fields.sernumA == (if id1.Some? then PackSerial(id1.value) else f.sernumA) &&
      run.fields.sernumB == (if id1.Some? && id2.Some? then PackSerial(id2.value) else f.sernumB) &&
      run.fields.model == (if id1.Some? && id2.Some? then DecodeModel(id2.value[0]) else f.model) &&
      run.fields.revision == (if rev.Some? then DecodeRevision(rev.value[0]) else f.revision)
  {
    var s := Advance(Advance(script));
    var id1 := Delivered(Next(s), ID_REPLY_LEN);
    var id2 := Delivered(Next(Advance(s)), ID_REPLY_LEN);
    if id1.Some? && id2.Some? {
      ModelFromSerial(id2.value);
    }
  }

  /**
    The requests of a `begin` whose bus starts: the setup and one probe, and, when
    the probe passes, the serial-number read followed by exactly one revision read.
   */
  lemma BeginRequests(f: Fields, addr: byte, script: seq<Step>)
    requires Next(script).Ok?
    ensures var run := RunBegin(f, addr, script);
      var probe := [I2cBegin, SetAddress(addr), SetBaudrate(I2C_BAUDRATE), WriteRead([0xE7], 1)];
      var s := Advance(Advance(script));
      var serial := RunReadSerialNumber(f, s);
      (run.value ==> run.events == probe + serial.events + [WriteRead([0x84, 0xB8], 2)] && run.rest == Advance(serial.rest)) &&
      (!run.value ==> run.events == probe && run.rest == s)
  {
    CommandEncodings();
  }

  /** A `begin` whose bus does not start makes no other request and takes one step. */
  lemma BeginStopsOnFailedStart(f: Fields, addr: byte, script: seq<Step>)
    requires !Next(script).Ok?
    ensures var run := RunBegin(f, addr, script);
      !run.value && run.fields == f && run.events == [I2cBegin] && run.rest == Advance(script)
  {
  }

  /** When the first ID transfer succeeds, both ID requests go out, as (0xFA,0x0F) and then (0xFC,0xC9), each for 8 bytes. */
  lemma SerialRequests(f: Fields, script: seq<Step>)
    requires Delivered(Next(script), ID_REPLY_LEN).Some?
    ensures RunReadSerialNumber(f, script).events == [WriteRead([0xFA, 0x0F], 8), WriteRead([0xFC, 0xC9], 8)]
  {
    CommandEncodings();
  }

  /** If the first ID transfer fails the serial-number read changes nothing. */
  lemma SerialFirstHalfFails(f: Fields, script: seq<Step>)
    requires Delivered(Next(script), ID_REPLY_LEN).None?
    ensures RunReadSerialNumber(f, script).fields == f
  {
  }

  /** If only the second ID transfer fails, `sernumA` is updated and `sernumB` and the model keep their values. */
  lemma SerialSecondHalfFails(f: Fields, script: seq<Step>, reply1: seq<byte>)
    requires |reply1| == ID_REPLY_LEN && Next(script) == Ok(reply1)
    requires Delivered(Next(Advance(script)), ID_REPLY_LEN).None?
    ensures RunReadSerialNumber(f, script).fields == f.(sernumA := PackSerial(reply1))
  {
  }

  /** When both ID transfers succeed, both halves are packed from their replies and the model is read from the second. */
  lemma SerialBothHalves(f: Fields, script: seq<Step>, reply1: seq<byte>, reply2: seq<byte>)
    requires |reply1| == ID_REPLY_LEN && |reply2| == ID_REPLY_LEN
    requires Next(script) == Ok(reply1) && Next(Advance(script)) == Ok(reply2)
    ensures var g := RunReadSerialNumber(f, script).fields;
      g == Fields(DecodeModel(reply2[0]), f.revision, PackSerial(reply1), PackSerial(reply2))
  {
    ModelFromSerial(reply2);
  }

  /** A failed revision transfer leaves the revision unchanged; a successful one decodes the first reply byte. */
  lemma RevisionUpdate(f: Fields, script: seq<Step>)
    ensures var g := RunReadRevision(f, script).fields;
      (Delivered(Next(script), 2).None? ==> g == f) &&
      (Delivered(Next(script), 2).Some? ==> g == f.(revision := DecodeRevision(Next(script).bytes[0])))
  {
  }

  /** The humidity path sends 0xF5, waits 20 ms and reads three bytes; the third (CRC) byte has no effect. */
  lemma HumiIgnoresCrc(f: Fields, addr: byte, hi: byte, lo: byte, crc1: byte, crc2: byte, rest: seq<Step>)
    ensures var run1 := RunReadHumi(f, addr, [Ok([]), Ok([hi, lo, crc1])] + rest);
      var run2 := RunReadHumi(f, addr, [Ok([]), Ok([hi, lo, crc2])] + rest);
      run1.value == run2.value == Value(Humidity(RawWord(hi, lo))) &&
      run1.events == [SetAddress(addr), Write([0xF5]), Delay(20), Read(3)] &&
      run1.rest == rest
  {
    assert Advance([Ok([]), Ok([hi, lo, crc1])] + rest) == [Ok([hi, lo, crc1])] + rest;
    assert Advance([Ok([]), Ok([hi, lo, crc2])] + rest) == [Ok([hi, lo, crc2])] + rest;
    assert Advance([Ok([hi, lo, crc1])] + rest) == rest;
  }

  /** The legacy humidity return value is the sentinel -1 exactly when a transfer failed. */
  lemma HumiSentinelIffFailure(f: Fields, addr: byte, script: seq<Step>)
    ensures var r := RunReadHumi(f, addr, script).value;
      LegacyFloat(r) == -1.0 <==> r.TransportError?
  {
    var r := RunReadHumi(f, addr, script).value;
    if r.Value? {
      var reply := Next(Advance(script)).bytes;
      HumidityNeverSentinel(RawWord(reply[0], reply[1]));
    }
  }

  /** The legacy temperature return value is the sentinel -1 exactly when the transfer failed. */
  lemma TempSentinelIffFailure(f: Fields, addr: byte, script: seq<Step>)
    ensures var r := RunReadTemp(f, addr, script).value;
      LegacyFloat(r) == -1.0 <==> r.TransportError?
  {
    var r := RunReadTemp(f, addr, script).value;
    if r.Value? {
      var reply := Next(script).bytes;
      TemperatureNeverSentinel(RawWord(reply[0], reply[1]));
    }
  }

  /** An all-ones humidity word reads as 100 %RH: the conversion gives about 119.998 and is clamped. */
  lemma HumiSaturates(f: Fields, addr: byte, crc: byte)
    ensures RunReadHumi(f, addr, [Ok([]), Ok([0xFF, 0xFF, crc])]).value == Value(100.0)
  {
    HumidityClampThreshold(RawWord(0xFF, 0xFF));
  }

  /**
    A full identity discovery: the probe answers 0x3A, the second ID half starts
    with 0x15 and the revision reply with 0xFF, so the part is a 7021 of revision 1.
   */
  lemma BeginIdentifies7021Rev1(f: Fields, addr: byte)
    ensures var z := [0, 0, 0, 0, 0, 0, 0];
      var run := RunBegin(f, addr, [Ok([]), Ok([0x3A]), Ok([0x15] + z), Ok([0x15] + z), Ok([0xFF, 0])]);
      run.value && run.fields == Fields(Model7021, 1, 0x1500_0000, 0x1500_0000) && run.rest == []
  {
    var z := [0, 0, 0, 0, 0, 0, 0];
    var id: seq<byte> := [0x15] + z;
    assert PackSerial(id) == 0x1500_0000 by {
      assert PackSerial(id) / 0x100_0000 == 0x15;
    }
  }

  // ---------------------------------------------------------------------------
  // The driver
  // ---------------------------------------------------------------------------

  /** The Si7021 driver object: its bus address, its bus and the identity it has read. */
  class Si7021 {
    const addr: byte
    const bus: ScriptedBus
    var model: SensorType
    var revision: byte
    var sernumA: u32
    var sernumB: u32

    /** The mutable fields as one value. */
    function State(): (f: Fields)
      reads this
      ensures f.model == model && f.revision == revision && f.sernumA == sernumA && f.sernumB == sernumB
    {
      Fields(model, revision, sernumA, sernumB)
    }

    /** The revision is one of the three values the decode produces. */
    ghost predicate Valid()
      reads this
    {
      revision <= 2
    }

    constructor (bus: ScriptedBus, addr: byte := DEFAULT_ADDRESS)
      ensures this.bus == bus && this.addr == addr
      ensures State() == INITIAL_FIELDS && Valid()
    {
      this.addr := addr;
      this.bus := bus;
      sernumA, sernumB := 0, 0;
      model := Model7021;
      revision := 0;
    }

    /** `getRevision`: the revision read by the last successful revision transfer, 0 before any. */
    function GetRevision(): (rev: byte)
      reads this
      ensures rev == revision
      ensures Valid() ==> rev <= 2
    {
      revision
    }

    /** `getModel`: the model decoded by the last complete serial-number read. */
    function GetModel(): (t: SensorType)
      reads this
      ensures t == model
    {
      model
    }

    /** `begin`: behaves as `RunBegin` says. */
    method Begin() returns (ok: bool)
      requires Valid()
      modifies this, bus
      ensures Valid()
      ensures var run := RunBegin(old(State()), addr, old(bus.script));
        ok == run.value && State() == run.fields && bus.script == run.rest && bus.log == old(bus.log) + run.events
    {
      ghost var f0, script0, log0 := State(), bus.script, bus.log;
      var started := bus.Start();
      if !started {
        return false;
      }
      bus.SetSlaveAddress(addr);
      bus.SetBaud(I2C_BAUDRATE);
      ghost var setup := [I2cBegin, SetAddress(addr), SetBaudrate(I2C_BAUDRATE)];
      assert bus.log == log0 + setup;
      ghost var probeRun := RunReadRegister8(f0, READRHT_REG_CMD, Advance(script0));
      var probe := ReadRegister8(READRHT_REG_CMD);
      AppendAssoc(log0, setup, probeRun.events);
      if probe != USER_REG_DEFAULT {
        return false;
      }
      ghost var serialRun := RunReadSerialNumber(f0, probeRun.rest);
      ReadSerialNumber();
      ghost var revisionRun := RunReadRevision(serialRun.fields, serialRun.rest);
      ReadRevision();
      AppendAssoc(log0 + setup + probeRun.events, serialRun.events, revisionRun.events);
      AppendAssoc(log0, setup + probeRun.events, serialRun.events + revisionRun.events);
      ok := true;
    }

    /** `_readRegister8`: changes nothing but the bus. */
    method ReadRegister8(reg: byte) returns (value: byte)
      modifies bus
      ensures var run := RunReadRegister8(old(State()), reg, old(bus.script));
        value == run.value && bus.script == run.rest && bus.log == old(bus.log) + run.events
    {
      var reply := bus.WriteThenRead([reg], 1);
      if reply.None? {
        return 0;
      }
      value := reply.value[0];
    }

    method ReadSerialNumber()
      modifies this, bus
      ensures var run := RunReadSerialNumber(old(State()), old(bus.script));
        State() == run.fields && bus.script == run.rest && bus.log == old(bus.log) + run.events
    {
      var reply := bus.WriteThenRead(CommandBytes(ID1_CMD), ID_REPLY_LEN);
      if reply.None? {
        return;
      }
      sernumA := PackSerial(reply.value);
      reply := bus.WriteThenRead(CommandBytes(ID2_CMD), ID_REPLY_LEN);
      if reply.None? {
        return;
      }
      sernumB := PackSerial(reply.value);
      model := DecodeModel(TopByte(sernumB));
    }

    method ReadRevision()
      modifies this, bus
      ensures var run := RunReadRevision(old(State()), old(bus.script));
        State() == run.fields && bus.script == run.rest && bus.log == old(bus.log) + run.events
    {
      var reply := bus.WriteThenRead(CommandBytes(FIRMVERS_CMD), 2);
      if reply.None? {
        return;
      }
      revision := DecodeRevision(reply.value[0]);
    }

    /** `reset`: changes nothing but the bus. */
    method Reset()
      modifies bus
      ensures var run := RunReset(State(), addr, old(bus.script));
        bus.script == run.rest && bus.log == old(bus.log) + run.events
    {
      bus.SetSlaveAddress(addr);
      var ok := bus.WriteBytes([RESET_CMD]);
      if !ok {
        return;
      }
      bus.DelayMs(RESET_DELAY_MS);
    }

    /** `readHumi`, with the failure case as `TransportError` instead of the -1 sentinel. */
    method ReadHumi() returns (r: Reading)
      modifies bus
      ensures var run := RunReadHumi(State(), addr, old(bus.script));
        r == run.value && bus.script == run.rest && bus.log == old(bus.log) + run.events
    {
      bus.SetSlaveAddress(addr);
      var ok := bus.WriteBytes([MEASRH_NOHOLD_CMD]);
      if !ok {
        return TransportError;
      }
      bus.DelayMs(HUMIDITY_DELAY_MS);
      var reply := bus.ReadBytes(3);
      if reply.None? {
        return TransportError;
      }
      var raw := RawWord(reply.value[0], reply.value[1]);
      r := Value(Humidity(raw));
    }

    /** `readTemp`, with the failure case as `TransportError` instead of the -1 sentinel. */
    method ReadTemp() returns (r: Reading)
      modifies bus
      ensures var run := RunReadTemp(State(), addr, old(bus.script));
        r == run.value && bus.script == run.rest && bus.log == old(bus.log) + run.events
    {
      bus.SetSlaveAddress(addr);
      var reply := bus.WriteThenRead([READPREVTEMP_CMD], 2);
      if reply.None? {
        return TransportError;
      }
      var raw := RawWord(reply.value[0], reply.value[1]);
      r := Value(Temperature(raw));
    }
  }
}
