/**
  An abstract I2C bus driven by a script. Every transaction the driver starts
  takes the next scripted step: the step either fails or supplies reply bytes.
  The bus also keeps a log of everything the driver asked of it, so that the
  bytes written on the wire can be stated.
 */
module I2cBus {
  import opened Si7021Defs

  datatype Option<T> = None | Some(value: T)

  /** The outcome of one bus transaction. */
  datatype Step = Fail | Ok(bytes: seq<byte>)

  /** What the driver asked of the bus, in order. */
  datatype Event =
    | I2cBegin
    | SetAddress(addr: byte)
    | SetBaudrate(hz: nat)
    | Write(sent: seq<byte>)
    | Read(len: nat)
    | WriteRead(sent: seq<byte>, len: nat)
    | Delay(ms: nat)

  /** The step the next transaction takes; a used-up script fails every transaction. */
  function Next(script: seq<Step>): (s: Step)
    ensures script == [] ==> s == Fail
    ensures script != [] ==> s == script[0]
  {
    if script == [] then Fail else script[0]
  }

  /** The script left once the next transaction has taken its step. */
  function Advance(script: seq<Step>): (rest: seq<Step>)
    ensures script != [] ==> [script[0]] + rest == script
    ensures script == [] ==> rest == []
  {
    if script == [] then [] else script[1..]
  }

  /** The bytes a read of `len` bytes delivers: it succeeds only when the step supplies exactly `len` bytes. */
  function Delivered(s: Step, len: nat): (r: Option<seq<byte>>)
    ensures r.Some? <==> (s.Ok? && |s.bytes| == len)
    ensures r.Some? ==> |r.value| == len && r.value == s.bytes
  {
    if s.Ok? && |s.bytes| == len then Some(s.bytes) else None
  }

  /** Helper: appending to a log is associative; stated once so that the driver's log proofs stay cheap. */
  lemma AppendAssoc<T>(a: seq<T>, b: seq<T>, c: seq<T>)
    ensures a + b + c == a + (b + c)
  {
  }

  /** A bus whose transactions follow `script`; `log` records every request. */
  class ScriptedBus {
    var script: seq<Step>
    var log: seq<Event>

    constructor (script: seq<Step>)
      ensures this.script == script && log == []
    {
      this.script := script;
      log := [];
    }

    /** Starts the bus; it fails when the step fails. */
    method Start() returns (ok: bool)
      modifies this
      ensures ok <==> Next(old(script)).Ok?
      ensures script == Advance(old(script)) && log == old(log) + [I2cBegin]
    {
      ok := Next(script).Ok?;
      script := Advance(script);
      log := log + [I2cBegin];
    }

    method SetSlaveAddress(addr: byte)
      modifies this
      ensures script == old(script) && log == old(log) + [SetAddress(addr)]
    {
      log := log + [SetAddress(addr)];
    }

    method SetBaud(hz: nat)
      modifies this
      ensures script == old(script) && log == old(log) + [SetBaudrate(hz)]
    {
      log := log + [SetBaudrate(hz)];
    }

    /** Writes `sent`; the write fails when the step fails. */
    method WriteBytes(sent: seq<byte>) returns (ok: bool)
      modifies this
      ensures ok <==> Next(old(script)).Ok?
      ensures script == Advance(old(script)) && log == old(log) + [Write(sent)]
    {
      ok := Next(script).Ok?;
      script := Advance(script);
      log := log + [Write(sent)];
    }

    /** Reads `len` bytes. */
    method ReadBytes(len: nat) returns (r: Option<seq<byte>>)
      modifies this
      ensures r == Delivered(Next(old(script)), len)
      ensures script == Advance(old(script)) && log == old(log) + [Read(len)]
    {
      r := Delivered(Next(script), len);
      script := Advance(script);
      log := log + [Read(len)];
    }

    /** Writes `sent` and reads `len` bytes with a repeated start in between, as one transaction. */
    method WriteThenRead(sent: seq<byte>, len: nat) returns (r: Option<seq<byte>>)
      modifies this
      ensures r == Delivered(Next(old(script)), len)
      ensures script == Advance(old(script)) && log == old(log) + [WriteRead(sent, len)]
    {
      r := Delivered(Next(script), len);
      script := Advance(script);
      log := log + [WriteRead(sent, len)];
    }

    /** A blocking delay; only its length is recorded. */
    method DelayMs(ms: nat)
      modifies this
      ensures script == old(script) && log == old(log) + [Delay(ms)]
    {
      log := log + [Delay(ms)];
    }
  }
}
