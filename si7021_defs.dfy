/** Constants, command codes and the sensor-type enumeration of the Si7021 driver header. */
module Si7021Defs {

  /** An unsigned 8-bit value: `uint8_t`, and also `char` on the Raspberry Pi target, where plain `char` is unsigned. */
  type byte = x: int | 0 <= x < 0x100
  /** An unsigned 16-bit value: the two-byte commands. */
  type u16 = x: int | 0 <= x < 0x1_0000
  /** An unsigned 32-bit value: `uint32_t`, one half of the serial number. */
  type u32 = x: int | 0 <= x < 0x1_0000_0000

  /** Bus address the constructor uses when it is given none. */
  const DEFAULT_ADDRESS: byte := 0x40

  /** Measure relative humidity, no-hold-master mode. */
  const MEASRH_NOHOLD_CMD: byte := 0xF5
  /** Read the temperature measured during the previous humidity measurement. */
  const READPREVTEMP_CMD: byte := 0xE0
  /** Software reset. */
  const RESET_CMD: byte := 0xFE
  /** Read RH/T user register 1. */
  const READRHT_REG_CMD: byte := 0xE7

  /** Read electronic ID, first half. */
  const ID1_CMD: u16 := 0xFA0F
  /** Read electronic ID, second half. */
  const ID2_CMD: u16 := 0xFCC9
  /** Read firmware revision. */
  const FIRMVERS_CMD: u16 := 0x84B8

  /** First reply byte of a revision-1 part. */
  const REV_1: byte := 0xFF
  /** First reply byte of a revision-2 part. */
  const REV_2: byte := 0x20

  /** The sensor types, in the order of the header's enumeration. */
  datatype SensorType = EngineeringSamples | Model7013 | Model7020 | Model7021 | Unknown

  /** The C enumerator value of each sensor type (its position in the declaration). */
  function Ordinal(t: SensorType): (n: nat)
    ensures n < 5
  {
    match t
    case EngineeringSamples => 0
    case Model7013 => 1
    case Model7020 => 2
    case Model7021 => 3
    case Unknown => 4
  }

  /** The sensor type whose enumerator value is `n`. */
  function FromOrdinal(n: nat): (t: SensorType)
    requires n < 5
    ensures Ordinal(t) == n
  {
    if n == 0 then EngineeringSamples
    else if n == 1 then Model7013
    else if n == 2 then Model7020
    else if n == 3 then Model7021
    else Unknown
  }

  /** The enumeration has exactly five variants: enumerator values and variants are in one-to-one correspondence. */
  lemma OrdinalBijective(t: SensorType, u: SensorType)
    ensures FromOrdinal(Ordinal(t)) == t
    ensures Ordinal(t) == Ordinal(u) <==> t == u
  {
  }

  /** A two-byte command as it goes on the wire: high byte first, then low byte. */
  function CommandBytes(cmd: u16): (wire: seq<byte>)
    ensures |wire| == 2
    ensures wire[0] as int * 0x100 + wire[1] == cmd
  {
    [cmd / 0x100, cmd % 0x100]
  }

  /** The three two-byte commands the driver issues, as they appear on the wire. */
  lemma CommandEncodings()
    ensures CommandBytes(ID1_CMD) == [0xFA, 0x0F]
    ensures CommandBytes(ID2_CMD) == [0xFC, 0xC9]
    ensures CommandBytes(FIRMVERS_CMD) == [0x84, 0xB8]
  {
  }

  /** Two commands with the same wire bytes are the same command, so the split loses nothing. */
  lemma CommandBytesInjective(c: u16, d: u16)
    ensures CommandBytes(c) == CommandBytes(d) <==> c == d
  {
    var wc, wd := CommandBytes(c), CommandBytes(d);
    if wc == wd {
      assert c == wc[0] as int * 0x100 + wc[1] == wd[0] as int * 0x100 + wd[1] == d;
    }
  }

  /** The two revision markers differ, so a first reply byte never names both revisions. */
  lemma RevisionMarkersDistinct()
    ensures REV_1 != REV_2
  {
  }

  /** The single-byte commands the driver issues are pairwise distinct. */
  lemma SingleByteCommandsDistinct()
    ensures var cmds := [RESET_CMD, MEASRH_NOHOLD_CMD, READPREVTEMP_CMD, READRHT_REG_CMD];
      forall i, j :: 0 <= i < j < |cmds| ==> cmds[i] != cmds[j]
  {
  }
}
