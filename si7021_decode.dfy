/**
  The byte-level decodes of the Si7021 driver: serial-number packing, the model
  and revision tables, the raw measurement word and the conversions to
  physical units (over `real`, an idealisation of the C `float` arithmetic).
 */
module Si7021Decode {
  import opened Si7021Defs

  /**
    One half of the serial number: the even-indexed bytes of an 8-byte ID reply,
    packed big-endian. The odd-indexed bytes are CRC bytes and are not read.
   */
  function PackSerial(reply: seq<byte>): (half: u32)
    requires |reply| == 8
    ensures half / 0x100_0000 == reply[0]
    ensures half / 0x1_0000 % 0x100 == reply[2]
    ensures half / 0x100 % 0x100 == reply[4]
    ensures half % 0x100 == reply[6]
  {
    var upper := reply[0] as int * 0x100 + reply[2];
    var lower := reply[4] as int * 0x100 + reply[6];
    ByteSplit(reply[0], reply[2]);
    ByteSplit(reply[4], reply[6]);
    WordSplit(upper, lower);
    upper * 0x1_0000 + lower
  }

  /** Helper: a byte pair packed high byte first is recovered by division and remainder. */
  lemma ByteSplit(hi: byte, lo: byte)
    ensures (hi as int * 0x100 + lo) / 0x100 == hi && (hi as int * 0x100 + lo) % 0x100 == lo
  {
  }

  /** Helper: two 16-bit words packed high word first are recovered, and so are the bytes of the top word. */
  lemma WordSplit(hi: u16, lo: u16)
    ensures var x := hi as int * 0x1_0000 + lo;
      x < 0x1_0000_0000 && x / 0x1_0000 == hi && x % 0x1_0000 == lo &&
      x / 0x100_0000 == hi / 0x100 && x / 0x100 % 0x100 == lo / 0x100 && x % 0x100 == lo % 0x100
  {
    var x := hi as int * 0x1_0000 + lo;
    assert x / 0x100_0000 == hi / 0x100 by {
      assert x == (hi / 0x100) * 0x100_0000 + ((hi % 0x100) * 0x1_0000 + lo);
    }
    assert x / 0x100 == hi as int * 0x100 + lo / 0x100 by {
      assert x == (hi as int * 0x100 + lo / 0x100) * 0x100 + lo % 0x100;
    }
  }

  /** Only the even-indexed bytes of a reply matter: replies that agree on them give the same half. */
  lemma PackSerialIgnoresCrcBytes(r1: seq<byte>, r2: seq<byte>)
    requires |r1| == 8 && |r2| == 8
    requires r1[0] == r2[0] && r1[2] == r2[2] && r1[4] == r2[4] && r1[6] == r2[6]
    ensures PackSerial(r1) == PackSerial(r2)
  {
  }

  /** Conversely, the half determines the even-indexed bytes: different data bytes give different halves. */
  lemma PackSerialInjective(r1: seq<byte>, r2: seq<byte>)
    requires |r1| == 8 && |r2| == 8
    ensures PackSerial(r1) == PackSerial(r2) <==>
      (r1[0] == r2[0] && r1[2] == r2[2] && r1[4] == r2[4] && r1[6] == r2[6])
  {
  }

  /** The top byte of a 32-bit word (`x >> 24`). */
  function TopByte(x: u32): (b: byte)
    ensures b * 0x100_0000 <= x < (b + 1) * 0x100_0000
  {
    x / 0x100_0000
  }

  /** The sensor type is read off the top byte of the second serial half: a total table over all 256 values. */
  function DecodeModel(top: byte): (t: SensorType)
    ensures t == EngineeringSamples <==> top == 0x00 || top == 0xFF
    ensures t == Model7013 <==> top == 0x0D
    ensures t == Model7020 <==> top == 0x14
    ensures t == Model7021 <==> top == 0x15
    ensures t == Unknown <==> top !in {0x00, 0xFF, 0x0D, 0x14, 0x15}
  {
    match top
    case 0x00 => EngineeringSamples
    case 0xFF => EngineeringSamples
    case 0x0D => Model7013
    case 0x14 => Model7020
    case 0x15 => Model7021
    case _ => Unknown
  }

  /** The top bytes that decode to each sensor type: an independent statement of the table by its preimages. */
  function ModelCodes(t: SensorType): set<byte>
  {
    match t
    case EngineeringSamples => {0x00, 0xFF}
    case Model7013 => {0x0D}
    case Model7020 => {0x14}
    case Model7021 => {0x15}
    case Unknown => set b: byte | b in AllBytes() && b !in {0x00, 0xFF, 0x0D, 0x14, 0x15}
  }

  /** Every byte value, in increasing order. */
  function AllBytes(): (bytes: seq<byte>)
    ensures |bytes| == 0x100 && forall i :: 0 <= i < 0x100 ==> bytes[i] == i
  {
    seq(0x100, i requires 0 <= i < 0x100 => i)
  }

  /** A byte decodes to `t` exactly when it is one of `t`'s codes, so every byte lies in exactly one preimage. */
  lemma DecodeModelPreimage(top: byte, t: SensorType)
    ensures DecodeModel(top) == t <==> top in ModelCodes(t)
  {
    assert AllBytes()[top] == top;
  }

  /** Helper: a sequence without repetitions has as many distinct elements as it has entries. */
  lemma {:induction false} DistinctElements(s: seq<byte>)
    requires forall i, j :: 0 <= i < j < |s| ==> s[i] != s[j]
    ensures |(set b: byte | b in s)| == |s|
  {
    if s != [] {
      DistinctElements(s[1..]);
      var tail := set b: byte | b in s[1..];
      assert (set b: byte | b in s) == tail + {s[0]};
    }
  }

  /** Helper: the set of all byte values has 256 elements. */
  lemma AllBytesCount()
    ensures |(set b: byte | b in AllBytes())| == 0x100
  {
    DistinctElements(AllBytes());
  }

  /** Helper: the model table names five bytes explicitly. */
  lemma KnownModelCodes()
    ensures var known: set<byte> := {0x00, 0xFF, 0x0D, 0x14, 0x15};
      |known| == 5 && known <= (set b: byte | b in AllBytes())
  {
    var known: set<byte> := {0x00, 0xFF, 0x0D, 0x14, 0x15};
    forall b | b in known ensures b in AllBytes() {
      assert AllBytes()[b] == b;
    }
  }

  /** The preimages of the model table have 2, 1, 1, 1 and 251 elements, which together cover all 256 bytes. */
  lemma ModelCodesSizes()
    ensures |ModelCodes(EngineeringSamples)| == 2
    ensures |ModelCodes(Model7013)| == 1 && |ModelCodes(Model7020)| == 1 && |ModelCodes(Model7021)| == 1
    ensures |ModelCodes(Unknown)| == 251
  {
    var all := set b: byte | b in AllBytes();
    var known: set<byte> := {0x00, 0xFF, 0x0D, 0x14, 0x15};
    AllBytesCount();
    KnownModelCodes();
    var unknown := all - known;
    assert ModelCodes(Unknown) == unknown;
    assert all == unknown + known && unknown * known == {};
  }

  /** The firmware revision named by the first byte of the revision reply. */
  function DecodeRevision(first: byte): (rev: byte)
    ensures rev <= 2
    ensures rev == 1 <==> first == REV_1
    ensures rev == 2 <==> first == REV_2
  {
    if first == REV_1 then 1
    else if first == REV_2 then 2
    else 0
  }

  /** Of the 256 possible first bytes, exactly 254 decode to the unknown revision 0. */
  lemma RevisionZeroCount()
    ensures |(set b: byte | b in AllBytes() && DecodeRevision(b) == 0)| == 254
  {
    var all := set b: byte | b in AllBytes();
    AllBytesCount();
    var markers: set<byte> := {REV_1, REV_2};
    assert markers <= all by {
      assert AllBytes()[REV_1] == REV_1 && AllBytes()[REV_2] == REV_2;
    }
    assert (set b: byte | b in AllBytes() && DecodeRevision(b) == 0) == all - markers;
    assert all == (all - markers) + markers;
  }

  /** A measurement word: the first data byte is the high byte. */
  function RawWord(hi: byte, lo: byte): (raw: u16)
    ensures raw / 0x100 == hi && raw % 0x100 == lo
  {
    hi as int * 0x100 + lo
  }

  /** The conversion from a humidity word to percent relative humidity, before the clamp. */
  function UnclampedHumidity(raw: u16): real
  {
    (raw as real) * 125.0 / 65536.0 - 6.0
  }

  /** The humidity the driver reports: the conversion, clamped above at 100 and not clamped below. */
  function Humidity(raw: u16): (rh: real)
    ensures -6.0 <= rh <= 100.0
    ensures rh == UnclampedHumidity(raw) || UnclampedHumidity(raw) > rh == 100.0
  {
    var h := UnclampedHumidity(raw);
    if h > 100.0 then 100.0 else h
  }

  /** The clamp bites exactly from word 55575 on: below it the unclamped value is under 100. */
  lemma HumidityClampThreshold(raw: u16)
    ensures Humidity(raw) == 100.0 <==> raw >= 55575
    ensures raw < 55575 ==> Humidity(raw) == UnclampedHumidity(raw) < 100.0
  {
    if raw >= 55575 {
      assert UnclampedHumidity(raw) >= UnclampedHumidity(55575) > 100.0;
    } else {
      assert UnclampedHumidity(raw) <= UnclampedHumidity(55574) < 100.0;
    }
  }

  /** The reported humidity never decreases as the word grows. */
  lemma HumidityMonotone(r1: u16, r2: u16)
    requires r1 <= r2
    ensures Humidity(r1) <= Humidity(r2)
  {
  }

  /** Below the clamp the word is recovered from the humidity by inverting the conversion. */
  lemma HumidityInverse(raw: u16)
    ensures (UnclampedHumidity(raw) + 6.0) * 65536.0 / 125.0 == raw as real
  {
  }

  /** The conversion from a temperature word to degrees Celsius; no clamp is applied. */
  function Temperature(raw: u16): (celsius: real)
    ensures -46.85 <= celsius < 128.87
  {
    (raw as real) * 175.72 / 65536.0 - 46.85
  }

  /** The word is recovered from the temperature by inverting the conversion. */
  lemma TemperatureInverse(raw: u16)
    ensures (Temperature(raw) + 46.85) * 65536.0 / 175.72 == raw as real
  {
  }

  /** The temperature strictly increases with the word, so different words give different temperatures. */
  lemma TemperatureStrictlyMonotone(r1: u16, r2: u16)
    requires r1 < r2
    ensures Temperature(r1) < Temperature(r2)
  {
  }

  /** The result of a measurement: a value, or a failed bus transfer. */
  datatype Reading = Value(value: real) | TransportError

  /** What the legacy `float` interface returns: the value, or -1 when the transfer failed. */
  function LegacyFloat(r: Reading): (f: real)
    ensures r.TransportError? ==> f == -1.0
    ensures r.Value? ==> f == r.value
  {
    match r
    case Value(v) => v
    case TransportError => -1.0
  }

  /** No humidity word converts to -1, so the sentinel never stands for a real humidity. */
  lemma HumidityNeverSentinel(raw: u16)
    ensures Humidity(raw) != -1.0
  {
    if raw <= 2621 {
      assert (raw as real) * 125.0 <= 327625.0;
    } else {
      assert (raw as real) * 125.0 >= 327750.0;
    }
  }

  /** No temperature word converts to -1, so the sentinel never stands for a real temperature. */
  lemma TemperatureNeverSentinel(raw: u16)
    ensures Temperature(raw) != -1.0
  {
    if raw <= 17100 {
      assert (raw as real) * 175.72 <= 3004812.0;
    } else {
      assert (raw as real) * 175.72 >= 3004987.72;
    }
  }
}
