# Si7021 humidity/temperature sensor driver — Dafny model

This project models the Si7021 driver for the Raspberry Pi's I2C bus (class `SI7021` in
`si7021.cpp`, with its constants, enumeration and fields in `si7021.h`) and proves its properties.

The driver talks to the sensor through the bcm2835 I2C calls. Here those calls go to an abstract
bus, `I2cBus.ScriptedBus`. The bus is scripted: every transaction takes the next `Step` of its
script, which either fails (`Fail`) or supplies reply bytes (`Ok(bytes)`). The bus also keeps a
`log` of every request (start, set address, set clock, write, read, combined write-read, delay),
so the bytes the driver puts on the wire can be stated.

Files and modules:

- `si7021_defs.dfy`, module `Si7021Defs` (from `si7021.h`): the byte/`uint16`/`uint32` ranges, the
  command codes, the revision markers, the `SensorType` enumeration and its enumerator values, and
  the high-byte-first split of two-byte commands.
- `i2c_bus.dfy`, module `I2cBus`: the scripted bus. `Next`, `Advance` and `Delivered` give the
  meaning of one transaction.
- `si7021_decode.dfy`, module `Si7021Decode` (from `si7021.cpp`): the byte-level decodes. These
  are the serial-number packing, the model table, the revision table, the raw measurement word,
  and the humidity and temperature conversions over `real`. It also holds the legacy `-1` sentinel.
- `si7021.dfy`, module `Si7021Driver` (from `si7021.cpp`): each driver operation as a function
  `RunX` of the fields, the operation's arguments and the script. Its result says what the operation returns, what the four fields
  become, what is left of the script and what it asked of the bus. The module also holds the
  lemmas about these functions and the class `Si7021`. The methods of `Si7021` follow the C++
  control flow and are proved to agree with the `RunX` functions.

Modelling choices:

- Bytes are unsigned, 0..255. On the target, plain `char` is unsigned. So the shifts
  `recvBuf[i] << n` and the comparison with `0xff` act on the byte values 0..255.
- `b0 << 24` is computed in a C `int`. For `b0 >= 0x80` it leaves the positive range, but the
  result is stored in a `uint32_t`. `PackSerial` gives the stored 32-bit value:
  `b0·2^24 + b2·2^16 + b4·2^8 + b6`.
- A read or combined write-read succeeds only when its step is `Ok` with exactly the requested
  number of reply bytes; any other step is a transport failure, like a short read. A write, like
  `bcm2835_i2c_begin`, fails only when its step is `Fail`. A used-up script fails every
  transaction.
- `readHumi`/`readTemp` return a `Reading` (`Value(r)` or `TransportError`) instead of a `float`.
  `LegacyFloat` maps it back to the C return value, with `-1` on failure.

Three behaviours of the source the model keeps as written:

- If the second ID transfer fails, `sernum_a` has already been updated (`si7021.cpp:55`). Only
  `sernum_b` and the model keep their old values.
- A failed serial-number read does not stop `begin`. It still reads the revision and returns
  `true` (`si7021.cpp:27-29`).
- `reset` returns nothing (`void`). It skips the 50 ms delay when the write fails.

## Model

| member | source | states |
|---|---|---|
| `Si7021Defs.Ordinal` | si7021.h:37-43 | each sensor type's C enumerator value, all below 5 |
| `Si7021Defs.FromOrdinal` | si7021.h:37-43 | maps each enumerator value 0..4 back to a sensor type with that value |
| `Si7021Defs.OrdinalBijective` | si7021.h:37-43 | `FromOrdinal` inverts `Ordinal`, so the five variants have five distinct enumerator values (their order is that of the declaration, as `Ordinal` lists it): two types share an enumerator value only if they are equal |
| `Si7021Defs.CommandBytes` | si7021.cpp:47-48 | a 16-bit command goes on the wire as two bytes, high byte first; `hi*256 + lo` gives back the command |
| `Si7021Defs.CommandEncodings` | si7021.h:29-31 | ID1, ID2 and firmware-revision commands are sent as (0xFA,0x0F), (0xFC,0xC9), (0x84,0xB8) |
| `Si7021Defs.CommandBytesInjective` | si7021.cpp:58-59 | two commands have the same wire bytes if and only if they are the same command |
| `Si7021Defs.RevisionMarkersDistinct` | si7021.h:33-34 | the revision markers 0xFF and 0x20 differ, so the revision decode is unambiguous |
| `Si7021Defs.SingleByteCommandsDistinct` | si7021.h:15-25 | reset 0xFE, RH no-hold 0xF5, previous temperature 0xE0 and read-user-register 0xE7 are pairwise distinct |
| `Si7021Decode.PackSerial` | si7021.cpp:55 | a serial half is a 32-bit value whose bytes, from most to least significant, are reply bytes 0, 2, 4 and 6 |
| `Si7021Decode.PackSerialIgnoresCrcBytes` | si7021.cpp:65 | reply bytes 1, 3, 5 and 7 (the CRC bytes) have no effect on the half |
| `Si7021Decode.PackSerialInjective` | si7021.cpp:55 | two replies give the same half if and only if they agree on bytes 0, 2, 4 and 6 |
| `Si7021Decode.TopByte` | si7021.cpp:68 | `x >> 24` is the byte `b` with `b·2^24 <= x < (b+1)·2^24` |
| `Si7021Decode.DecodeModel` | si7021.cpp:68-85 | total model table, stated in both directions: 0x00/0xFF give engineering samples; 0x0D gives 7013; 0x14 gives 7020; 0x15 gives 7021; every other byte gives UNKNOWN |
| `Si7021Decode.DecodeModelPreimage` | si7021.cpp:68-85 | a byte decodes to a type if and only if it lies in that type's code set, so every byte lies in exactly one code set |
| `Si7021Decode.ModelCodesSizes` | si7021.cpp:68-85 | the table's preimages have 2, 1, 1, 1 and 251 elements: together they cover all 256 top bytes |
| `Si7021Decode.DecodeRevision` | si7021.cpp:100-105 | the revision is 0, 1 or 2; it is 1 if and only if the byte is 0xFF, and 2 if and only if the byte is 0x20 |
| `Si7021Decode.RevisionZeroCount` | si7021.cpp:100-105 | exactly 254 of the 256 first bytes decode to revision 0 |
| `Si7021Decode.RawWord` | si7021.cpp:145 | the raw word is at most 65535, with the first byte as its high byte and the second as its low byte |
| `Si7021Decode.Humidity` | si7021.cpp:145-149 | the value is between -6 and 100; it equals `raw*125/65536 - 6` unless that is above 100, in which case it is 100 |
| `Si7021Decode.HumidityClampThreshold` | si7021.cpp:149 | the clamp applies exactly from raw word 55575 on; below that the value is under 100 |
| `Si7021Decode.HumidityMonotone` | si7021.cpp:145-149 | humidity never decreases as the raw word grows |
| `Si7021Decode.HumidityInverse` | si7021.cpp:145-148 | inverting the unclamped conversion gives back the raw word |
| `Si7021Decode.Temperature` | si7021.cpp:166-170 | `raw*175.72/65536 - 46.85`, not clamped, lies in [-46.85, 128.87) |
| `Si7021Decode.TemperatureInverse` | si7021.cpp:166-169 | inverting the conversion gives back the raw word |
| `Si7021Decode.TemperatureStrictlyMonotone` | si7021.cpp:166-170 | temperature strictly increases with the raw word |
| `Si7021Decode.LegacyFloat` | si7021.cpp:131-143 | the legacy `float` result is the value, or -1 on a transport failure |
| `Si7021Decode.HumidityNeverSentinel` | si7021.cpp:145-149 | no raw word converts to humidity -1 |
| `Si7021Decode.TemperatureNeverSentinel` | si7021.cpp:166-170 | no raw word converts to temperature -1 |
| `Si7021Driver.RunReadRegister8` | si7021.cpp:32-43 | one combined write-read that sends `[reg]` and reads 1 byte; the result is that byte, or 0 if the transfer fails; fields unchanged |
| `Si7021Driver.RunReadSerialNumber` | si7021.cpp:45-87 | the first request is the ID1 write-read of 8 bytes; the ID2 write-read of 8 bytes follows exactly when the first transfer succeeds, and nothing else is sent; the revision is never touched |
| `Si7021Driver.RunReadRevision` | si7021.cpp:89-107 | a single (0x84,0xB8) write-read of 2 bytes; model and serial halves unchanged; a revision in {0,1,2} stays in {0,1,2} |
| `Si7021Driver.RunBegin` | si7021.cpp:14-30 | returns true exactly when the bus starts and the probe of register 0xE7 answers 0x3A; on false all four fields are unchanged; the revision stays in {0,1,2} |
| `Si7021Driver.RunReset` | si7021.cpp:111-121 | the requests are exactly: set address, write 0xFE, then a 50 ms delay exactly when the write succeeds; fields unchanged |
| `Si7021Driver.RunReadHumi` | si7021.cpp:127-150 | a value exactly when the write and the 3-byte read both succeed; after a failed write no delay and no read follow and only one script step is taken; the value is `Humidity` of the word with reply byte 0 high and byte 1 low, and lies in [-6, 100]; fields unchanged |
| `Si7021Driver.RunReadTemp` | si7021.cpp:156-171 | set address, then a write-read of `[0xE0]` and 2 bytes; a value exactly when the transfer delivers 2 bytes, and that value is `Temperature` of the word with reply byte 0 high and byte 1 low; fields unchanged |
| `Si7021Driver.ModelFromSerial` | si7021.cpp:65-68 | the top byte of a packed half, which the model decode reads, is byte 0 of its ID reply |
| `Si7021Driver.BeginFailsOnFailedProbe` | si7021.cpp:36-39 | a failed probe transfer reads as 0, which fails the 0x3A check; `begin` returns false and changes no field |
| `Si7021Driver.BeginFailsOnWrongProbe` | si7021.cpp:25-26 | a probe answer other than 0x3A makes `begin` return false, change no field and make no request after the probe |
| `Si7021Driver.BeginReadsRevisionAfterFailedId` | si7021.cpp:27-29 | after a passed probe and a failed ID1 transfer, `begin` still returns true, keeps the serials and model, and still issues the revision read |
| `Si7021Driver.BeginDiscoversIdentity` | si7021.cpp:14-107 | on every bus where the start and the probe succeed, `begin` returns true; `sernum_a` is packed from the ID1 reply, `sernum_b` and the model from the ID2 reply when both arrive, and the revision from the revision reply, each keeping its old value when its transfer fails |
| `Si7021Driver.BeginRequests` | si7021.cpp:17-29 | once the bus starts, `begin` makes the setup requests and one probe write-read of `[0xE7]`; on false nothing follows; on true the serial-number requests follow and then exactly one (0x84,0xB8) revision read, and the script is used up by exactly those transactions |
| `Si7021Driver.BeginStopsOnFailedStart` | si7021.cpp:17-21 | when `bcm2835_i2c_begin` fails, `begin` returns false, changes no field and makes no further request |
| `Si7021Driver.BeginEndsWithRevisionRead` | si7021.cpp:27-29 | every successful `begin` makes the revision read its last bus request |
| `Si7021Driver.SerialRequests` | si7021.cpp:47-59 | after a successful first transfer the two requests are the (0xFA,0x0F) and (0xFC,0xC9) write-reads of 8 bytes, in that order |
| `Si7021Driver.SerialFirstHalfFails` | si7021.cpp:50-54 | if the ID1 transfer fails, no field changes |
| `Si7021Driver.SerialSecondHalfFails` | si7021.cpp:60-64 | if only the ID2 transfer fails, `sernum_a` is packed from the first reply and `sernum_b` and the model keep their values |
| `Si7021Driver.SerialBothHalves` | si7021.cpp:55-85 | if both transfers succeed, both halves are packed from their replies and the model is decoded from the second reply's byte 0 |
| `Si7021Driver.RevisionUpdate` | si7021.cpp:94-105 | a failed revision transfer changes nothing; a successful one sets the revision from the first reply byte |
| `Si7021Driver.HumiIgnoresCrc` | si7021.cpp:130-149 | `readHumi` sends 0xF5, waits 20 ms and reads 3 bytes; the CRC byte has no effect on the result |
| `Si7021Driver.HumiSentinelIffFailure` | si7021.cpp:131-149 | the legacy humidity result is -1 exactly when a transfer failed |
| `Si7021Driver.TempSentinelIffFailure` | si7021.cpp:161-170 | the legacy temperature result is -1 exactly when the transfer failed |
| `Si7021Driver.HumiSaturates` | si7021.cpp:145-149 | raw bytes (0xFF,0xFF) read as exactly 100 %RH |
| `Si7021Driver.BeginIdentifies7021Rev1` | si7021.cpp:14-107 | the probe answers 0x3A, both ID replies start with 0x15 and the revision reply with 0xFF: `begin` gives model 7021, revision 1 and both halves 0x15000000 |
| `Si7021Driver.Si7021.constructor` | si7021.cpp:3-9 | the address is the argument (0x40 by default); both serial halves are 0, the model is 7021 (not UNKNOWN) and the revision is 0 |
| `Si7021Driver.Si7021.GetRevision` | si7021.h:63 | returns the current revision, which is at most 2, and changes nothing |
| `Si7021Driver.Si7021.GetModel` | si7021.h:69 | returns the current model and changes nothing |
| `Si7021Driver.Si7021.Begin` | si7021.cpp:14-30 | return value, new fields, remaining script and bus requests are those of `RunBegin`; the revision stays in {0,1,2} |
| `Si7021Driver.Si7021.ReadRegister8` | si7021.cpp:32-43 | behaves as `RunReadRegister8` and changes only the bus |
| `Si7021Driver.Si7021.ReadSerialNumber` | si7021.cpp:45-87 | behaves as `RunReadSerialNumber` |
| `Si7021Driver.Si7021.ReadRevision` | si7021.cpp:89-107 | behaves as `RunReadRevision` |
| `Si7021Driver.Si7021.Reset` | si7021.cpp:111-121 | behaves as `RunReset` and changes only the bus |
| `Si7021Driver.Si7021.ReadHumi` | si7021.cpp:127-150 | behaves as `RunReadHumi` and changes only the bus |
| `Si7021Driver.Si7021.ReadTemp` | si7021.cpp:156-171 | behaves as `RunReadTemp` and changes only the bus |

## Left out

- The bcm2835 calls (`bcm2835_i2c_begin`, `setSlaveAddress`, `set_baudrate`, `write`, `read`, `write_read_rs`, `bcm2835_delay`) are hardware I/O. The scripted bus replaces them, and the delays (20 ms, 50 ms) appear only as logged events.
- The reason codes of failed transfers and the `errCode` field: they are only printed, and no result depends on them.
- The `printf` diagnostics: output only.
- The `sendBuf` field is not kept as a field. Every call writes all the bytes it sends before sending them, so no stale byte reaches the wire. The bytes each call sends are in the bus log.
- IEEE-754 `float` rounding in `readHumi` and `readTemp`. The conversions are stated over `real`, which idealises those computations. The sentinel lemmas hold for exact reals.
- CRC checking: the driver reads the CRC bytes but never checks them.
- The constants the driver never sends: the hold-mode measurement commands, the no-hold temperature command, the user-register write command, the heater register commands and the heater bit.
- `testMain.cpp` is not part of this model. It is a host program with an endless polling loop.
- Behaviour on a platform where plain `char` is signed: bytes are modelled as unsigned.
- Concurrency and hangs of the bus: the model is sequential, and every transaction ends.
