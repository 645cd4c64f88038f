// The I/O expander of the MCC 152 (lib/mcc152_dio.c): register writes
// and reads over I2C, the read-modify-write of a single channel, the
// per-address cache of the output and direction registers, and the
// tracking of the last register addressed, which lets a read skip
// sending the register number.
//
// The I2C device itself is outside the model: each transaction's outcome
// is a parameter, and the bus operations issued are returned in order.
// Each operation is a function on DioState, which the methods of DioBus
// carry out on the fields of dio_devices[].

module Mcc152Dio {
  import opened DaqHats

  const NUM_DIO_CHANNELS: bv8 := 8
  const DIO_CHANNEL_ALL: bv8 := 0xFF

  const DIO_REG_INPUT_PORT: bv8 := 0x00
  const DIO_REG_OUTPUT_PORT: bv8 := 0x01
  const DIO_REG_POLARITY: bv8 := 0x02
  const DIO_REG_CONFIG: bv8 := 0x03
  const DIO_REG_INPUT_LATCH: bv8 := 0x42
  const DIO_REG_PULL_ENABLE: bv8 := 0x43
  const DIO_REG_PULL_SELECT: bv8 := 0x44
  const DIO_REG_INT_MASK: bv8 := 0x45
  const DIO_REG_INT_STATUS: bv8 := 0x46
  const DIO_REG_OUTPUT_CONFIG: bv8 := 0x4F

  /** A bus transaction: write a register, read a register, or read the register last addressed. */
  datatype I2cOp = WriteReg(reg: bv8, value: bv8) | ReadReg(reg: bv8) | ReadCurrent

  /**
   * The outcome of one transaction: whether the device opened, whether
   * the slave address was accepted, whether the transfer itself worked,
   * and the byte a read returns.
   */
  datatype I2cReply = I2cReply(deviceOpen: bool, addressed: bool, transferred: bool, data: bv8)

  /** A transaction reaches the bus once the device is open and addressed. */
  predicate Reached(r: I2cReply)
  {
    r.deviceOpen && r.addressed
  }

  /** The result _mcc152_i2c_write and _mcc152_i2c_read report for a valid address. */
  function Outcome(r: I2cReply): (result: ResultCode)
    ensures result == Success <==> Reached(r) && r.transferred
    ensures result != Success ==> result == (if r.deviceOpen then CommsFailure else ResourceUnavail)
  {
    if !r.deviceOpen then ResourceUnavail
    else if !r.addressed || !r.transferred then CommsFailure
    else Success
  }

  /** The channel check of the source: channel > NUM_DIO_CHANNELS, unless ALL. */
  predicate ChannelRejectedAsWritten(channel: bv8)
  {
    channel > NUM_DIO_CHANNELS && channel != DIO_CHANNEL_ALL
  }

  /** The check the expander's eight channels need: channel >= NUM_DIO_CHANNELS, unless ALL. */
  predicate ChannelRejected(channel: bv8)
  {
    channel >= NUM_DIO_CHANNELS && channel != DIO_CHANNEL_ALL
  }

  /**
   * Channel 8 passes the source's check: a write of it rewrites the
   * register with its current value and a read of it gives 0, both
   * reported as SUCCESS.
   */
  lemma ChannelEightAcceptedAsWritten(base: bv8, value: bv8)
    requires value <= 1
    ensures !ChannelRejectedAsWritten(8) && ChannelRejected(8)
    ensures RegSetBit(base, 8, value) == base
    ensures RegBit(base, 8) == 0
  {
  }

  /** The registers with a local cache: OUTPUT_PORT and CONFIG. */
  predicate Cached(reg: bv8)
  {
    reg == DIO_REG_OUTPUT_PORT || reg == DIO_REG_CONFIG
  }

  /**
   * The value written by _mcc152_dio_reg_write: the whole byte for ALL,
   * otherwise the base with only the channel's bit changed to value & 1.
   */
  function WrittenValue(base: bv8, channel: bv8, value: bv8): (w: bv8)
    requires !ChannelRejected(channel)
    ensures channel == DIO_CHANNEL_ALL ==> w == value
    ensures channel != DIO_CHANNEL_ALL ==>
      RegBit(w, channel) == value & 1 &&
      forall j: bv8 :: j < 8 && j != channel ==> RegBit(w, j) == RegBit(base, j)
  {
    if channel == DIO_CHANNEL_ALL then value else RegSetBit(base, channel, value & 1)
  }

  /** The value _mcc152_dio_reg_read reports: the whole byte for ALL, otherwise the channel's bit. */
  function ReadValue(reg: bv8, channel: bv8): (v: bv8)
    requires !ChannelRejected(channel)
    ensures channel == DIO_CHANNEL_ALL ==> v == reg
    ensures channel != DIO_CHANNEL_ALL ==> v <= 1
  {
    if channel == DIO_CHANNEL_ALL then reg else RegBit(reg, channel)
  }

  /** Writing one channel and reading it back gives the bit written; every other channel keeps its value. */
  lemma WriteThenReadChannel(base: bv8, channel: bv8, other: bv8, value: bv8)
    requires channel < NUM_DIO_CHANNELS && other < NUM_DIO_CHANNELS
    ensures ReadValue(WrittenValue(base, channel, value), channel) == value & 1
    ensures other != channel ==> ReadValue(WrittenValue(base, channel, value), other) == ReadValue(base, other)
  {
  }

  // ---------------------------------------------------------------------
  // The state kept per address, and the operations on it

  /** dio_devices[]: per address, the last register addressed and the two caches. */
  datatype DioState = DioState(lastRegister: seq<bv8>, outputPort: seq<bv8>, direction: seq<bv8>)

  predicate WellSized(s: DioState)
  {
    |s.lastRegister| == MAX_NUMBER_HATS && |s.outputPort| == MAX_NUMBER_HATS && |s.direction| == MAX_NUMBER_HATS
  }

  /** The cache of a cached register at an address. */
  function CacheOf(s: DioState, reg: bv8, address: nat): (v: bv8)
    requires WellSized(s) && Cached(reg) && address < MAX_NUMBER_HATS
  {
    if reg == DIO_REG_OUTPUT_PORT then s.outputPort[address] else s.direction[address]
  }

  /** The state at one address: what an operation on another address must leave alone. */
  predicate SameAt(s: DioState, t: DioState, a: nat)
    requires WellSized(s) && WellSized(t) && a < MAX_NUMBER_HATS
  {
    s.lastRegister[a] == t.lastRegister[a] && s.outputPort[a] == t.outputPort[a] && s.direction[a] == t.direction[a]
  }

  datatype WriteOutcome = WriteOutcome(result: ResultCode, ops: seq<I2cOp>, state: DioState)
  datatype ReadOutcome = ReadOutcome(result: ResultCode, value: Option<bv8>, ops: seq<I2cOp>, state: DioState)

  /**
   * _mcc152_i2c_write: once the slave is addressed the write is issued
   * and the register becomes the last one addressed, whether or not the
   * write succeeds.
   */
  function I2cWriteStep(s: DioState, address: nat, reg: bv8, value: bv8, reply: I2cReply): (o: WriteOutcome)
    requires WellSized(s)
    ensures WellSized(o.state) && o.state.outputPort == s.outputPort && o.state.direction == s.direction
    ensures o.result == Success <==> address < MAX_NUMBER_HATS && Reached(reply) && reply.transferred
    ensures o.ops == (if address < MAX_NUMBER_HATS && Reached(reply) then [WriteReg(reg, value)] else [])
    ensures o.ops != [] ==> o.state.lastRegister[address] == reg
    ensures o.ops == [] ==> o.state == s
  {
    if address >= MAX_NUMBER_HATS then WriteOutcome(BadParameter, [], s)
    else if !Reached(reply) then WriteOutcome(Outcome(reply), [], s)
    else WriteOutcome(Outcome(reply), [WriteReg(reg, value)], s.(lastRegister := s.lastRegister[address := reg]))
  }

  /**
   * _mcc152_i2c_read: a read of the register last addressed is a plain
   * byte read; any other sends the register first.  Only a successful
   * read records the register as the last one addressed.
   */
  function I2cReadStep(s: DioState, address: nat, reg: bv8, reply: I2cReply): (o: ReadOutcome)
    requires WellSized(s)
    ensures WellSized(o.state) && o.state.outputPort == s.outputPort && o.state.direction == s.direction
    ensures o.value.Some? <==> o.result == Success
    ensures o.result == Success <==> address < MAX_NUMBER_HATS && Reached(reply) && reply.transferred
    ensures o.result == Success ==> o.value.value == reply.data && o.state.lastRegister[address] == reg
    ensures o.result != Success ==> o.state == s
    ensures address < MAX_NUMBER_HATS && Reached(reply) ==>
      o.ops == [if reg == s.lastRegister[address] then ReadCurrent else ReadReg(reg)]
  {
    if address >= MAX_NUMBER_HATS then ReadOutcome(BadParameter, None, [], s)
    else if !Reached(reply) then ReadOutcome(Outcome(reply), None, [], s)
    else
      var op := if reg == s.lastRegister[address] then ReadCurrent else ReadReg(reg);
      if !reply.transferred then ReadOutcome(CommsFailure, None, [op], s)
      else ReadOutcome(Success, Some(reply.data), [op], s.(lastRegister := s.lastRegister[address := reg]))
  }

  /** The cache update after a successful write or read of a register. */
  function Refresh(s: DioState, address: nat, reg: bv8, value: bv8): (t: DioState)
    requires WellSized(s) && address < MAX_NUMBER_HATS
    ensures WellSized(t) && t.lastRegister == s.lastRegister
    ensures Cached(reg) ==> CacheOf(t, reg, address) == value
    ensures !Cached(reg) ==> t == s
  {
    if reg == DIO_REG_OUTPUT_PORT then s.(outputPort := s.outputPort[address := value])
    else if reg == DIO_REG_CONFIG then s.(direction := s.direction[address := value])
    else s
  }

  /**
   * _mcc152_dio_reg_write: the new value of the register (the whole
   * byte, or one bit changed over the cached or freshly read value) is
   * written, and the cache follows a successful write.  A failed read
   * is not checked by the source: the base is then whatever the stack
   * held, given here as stale.
   */
  function RegWriteStep(s: DioState, address: nat, reg: bv8, channel: bv8, value: bv8, useCache: bool,
                        readReply: I2cReply, stale: bv8, writeReply: I2cReply): (o: WriteOutcome)
    requires WellSized(s)
    ensures WellSized(o.state)
    ensures address >= MAX_NUMBER_HATS || ChannelRejected(channel) ==> o == WriteOutcome(BadParameter, [], s)
    ensures address < MAX_NUMBER_HATS && !ChannelRejected(channel) ==> o.result == Outcome(writeReply)
    ensures o.result != Success ==> o.state.outputPort == s.outputPort && o.state.direction == s.direction
  {
    if address >= MAX_NUMBER_HATS || ChannelRejected(channel) then WriteOutcome(BadParameter, [], s)
    else
      var b := WriteBase(s, address, reg, channel, useCache, readReply, stale);
      var w := WrittenValue(b.base, channel, value);
      var wr := I2cWriteStep(b.state, address, reg, w, writeReply);
      WriteOutcome(wr.result, b.ops + wr.ops, if wr.result == Success then Refresh(wr.state, address, reg, w) else wr.state)
  }

  /** The value a single-channel write changes one bit of, the transfers that fetch it, and the state after them. */
  datatype BaseRead = BaseRead(base: bv8, ops: seq<I2cOp>, state: DioState)

  /**
   * The base of a register write: none for ALL, the cache of a cached
   * register when the caller allows it, and otherwise the register read
   * from the device (or the stale value when that read fails).
   */
  function WriteBase(s: DioState, address: nat, reg: bv8, channel: bv8, useCache: bool,
                     readReply: I2cReply, stale: bv8): (b: BaseRead)
    requires WellSized(s) && address < MAX_NUMBER_HATS
    ensures WellSized(b.state) && b.state.outputPort == s.outputPort && b.state.direction == s.direction
    ensures channel == DIO_CHANNEL_ALL || (useCache && Cached(reg)) ==> b.ops == [] && b.state == s
  {
    if channel == DIO_CHANNEL_ALL then BaseRead(0, [], s)
    else if useCache && reg == DIO_REG_OUTPUT_PORT then BaseRead(s.outputPort[address], [], s)
    else if useCache && reg == DIO_REG_CONFIG then BaseRead(s.direction[address], [], s)
    else
      var r := I2cReadStep(s, address, reg, readReply);
      BaseRead(if r.value.Some? then r.value.value else stale, r.ops, r.state)
  }

  /**
   * _mcc152_dio_reg_read: the register is read, a cached register's
   * cache is refreshed, and the whole byte or the channel's bit is
   * reported.
   */
  function RegReadStep(s: DioState, address: nat, reg: bv8, channel: bv8, reply: I2cReply): (o: ReadOutcome)
    requires WellSized(s)
    ensures WellSized(o.state)
    ensures o.value.Some? <==> o.result == Success
    ensures address >= MAX_NUMBER_HATS || ChannelRejected(channel) ==> o == ReadOutcome(BadParameter, None, [], s)
    ensures address < MAX_NUMBER_HATS && !ChannelRejected(channel) ==> o.result == Outcome(reply)
  {
    if address >= MAX_NUMBER_HATS || ChannelRejected(channel) then ReadOutcome(BadParameter, None, [], s)
    else
      var r := I2cReadStep(s, address, reg, reply);
      if r.result != Success then r
      else ReadOutcome(Success, Some(ReadValue(r.value.value, channel)), r.ops, Refresh(r.state, address, reg, r.value.value))
  }

  /**
   * _mcc152_dio_init: forget the last register of this address, so that
   * the first read sends the register number, then fill the cache from
   * OUTPUT_PORT and CONFIG.
   */
  function InitStep(s: DioState, address: nat, portReply: I2cReply, configReply: I2cReply): (o: WriteOutcome)
    requires WellSized(s)
    ensures WellSized(o.state)
    ensures address >= MAX_NUMBER_HATS ==> o == WriteOutcome(BadParameter, [], s)
    ensures address < MAX_NUMBER_HATS ==>
      (o.result == Success <==> Outcome(portReply) == Success && Outcome(configReply) == Success) &&
      (Reached(portReply) ==> |o.ops| > 0 && o.ops[0] == ReadReg(DIO_REG_OUTPUT_PORT))
    ensures o.result == Success ==>
      o.ops == [ReadReg(DIO_REG_OUTPUT_PORT), ReadReg(DIO_REG_CONFIG)] &&
      o.state.outputPort[address] == portReply.data && o.state.direction[address] == configReply.data &&
      o.state.lastRegister[address] == DIO_REG_CONFIG
  {
    if address >= MAX_NUMBER_HATS then WriteOutcome(BadParameter, [], s)
    else
      var s0 := s.(lastRegister := s.lastRegister[address := 0xFF]);
      var p := I2cReadStep(s0, address, DIO_REG_OUTPUT_PORT, portReply);
      if p.result != Success then WriteOutcome(p.result, p.ops, p.state)
      else
        var s1 := p.state.(outputPort := p.state.outputPort[address := p.value.value]);
        var c := I2cReadStep(s1, address, DIO_REG_CONFIG, configReply);
        if c.result != Success then WriteOutcome(c.result, p.ops + c.ops, c.state)
        else WriteOutcome(Success, p.ops + c.ops, c.state.(direction := c.state.direction[address := c.value.value]))
  }

  // ---------------------------------------------------------------------
  // Properties of the operations

  /** A register write touches only the state of its own address. */
  lemma WriteStaysAtAddress(s: DioState, address: nat, other: nat, reg: bv8, channel: bv8, value: bv8,
                            useCache: bool, r1: I2cReply, stale: bv8, r2: I2cReply)
    requires WellSized(s) && other < MAX_NUMBER_HATS && other != address
    ensures SameAt(RegWriteStep(s, address, reg, channel, value, useCache, r1, stale, r2).state, s, other)
  {
  }

  /** A register read touches only the state of its own address. */
  lemma ReadStaysAtAddress(s: DioState, address: nat, other: nat, reg: bv8, channel: bv8, r1: I2cReply)
    requires WellSized(s) && other < MAX_NUMBER_HATS && other != address
    ensures SameAt(RegReadStep(s, address, reg, channel, r1).state, s, other)
  {
  }

  /** An I2C read touches only the state of its own address. */
  lemma I2cReadStaysAtAddress(s: DioState, address: nat, other: nat, reg: bv8, reply: I2cReply)
    requires WellSized(s) && other < MAX_NUMBER_HATS && other != address
    ensures SameAt(I2cReadStep(s, address, reg, reply).state, s, other)
  {
  }

  /** Initialisation touches only the state of its own address. */
  lemma InitStaysAtAddress(s: DioState, address: nat, other: nat, r1: I2cReply, r2: I2cReply)
    requires WellSized(s) && other < MAX_NUMBER_HATS && other != address
    ensures SameAt(InitStep(s, address, r1, r2).state, s, other)
  {
    if address < MAX_NUMBER_HATS {
      var s0 := s.(lastRegister := s.lastRegister[address := 0xFF]);
      var p := I2cReadStep(s0, address, DIO_REG_OUTPUT_PORT, r1);
      I2cReadStaysAtAddress(s0, address, other, DIO_REG_OUTPUT_PORT, r1);
      if p.result == Success {
        var s1 := p.state.(outputPort := p.state.outputPort[address := p.value.value]);
        I2cReadStaysAtAddress(s1, address, other, DIO_REG_CONFIG, r2);
      }
    }
  }

  /** Every operation touches only the state of its own address. */
  lemma OperationsStayAtAddress(s: DioState, address: nat, other: nat, reg: bv8, channel: bv8, value: bv8,
                                useCache: bool, r1: I2cReply, stale: bv8, r2: I2cReply)
    requires WellSized(s) && other < MAX_NUMBER_HATS && other != address
    ensures SameAt(RegWriteStep(s, address, reg, channel, value, useCache, r1, stale, r2).state, s, other)
    ensures SameAt(RegReadStep(s, address, reg, channel, r1).state, s, other)
    ensures SameAt(InitStep(s, address, r1, r2).state, s, other)
  {
    WriteStaysAtAddress(s, address, other, reg, channel, value, useCache, r1, stale, r2);
    ReadStaysAtAddress(s, address, other, reg, channel, r1);
    InitStaysAtAddress(s, address, other, r1, r2);
  }

  /**
   * After a successful write of a cached register, the cache holds the
   * value written: for one channel, the old cache with that channel's bit
   * changed, sent without a read.
   */
  lemma CachedWriteKeepsCache(s: DioState, address: nat, reg: bv8, channel: bv8, value: bv8,
                              r1: I2cReply, stale: bv8, r2: I2cReply)
    requires WellSized(s) && address < MAX_NUMBER_HATS && Cached(reg) && !ChannelRejected(channel)
    requires RegWriteStep(s, address, reg, channel, value, true, r1, stale, r2).result == Success
    ensures var o := RegWriteStep(s, address, reg, channel, value, true, r1, stale, r2);
      var w := CacheOf(o.state, reg, address);
      o.ops == [WriteReg(reg, w)] &&
      (channel == DIO_CHANNEL_ALL ==> w == value) &&
      (channel != DIO_CHANNEL_ALL ==>
         RegBit(w, channel) == value & 1 &&
         forall j: bv8 :: j < 8 && j != channel ==> RegBit(w, j) == RegBit(CacheOf(s, reg, address), j))
  {
  }

  /**
   * A single-channel write without the cache reads the register first
   * and changes one bit of what it read.
   */
  lemma UncachedWriteReadsFirst(s: DioState, address: nat, reg: bv8, channel: bv8, value: bv8,
                                r1: I2cReply, stale: bv8, r2: I2cReply)
    requires WellSized(s) && address < MAX_NUMBER_HATS && channel < NUM_DIO_CHANNELS
    requires Outcome(r1) == Success && Reached(r2)
    ensures var o := RegWriteStep(s, address, reg, channel, value, false, r1, stale, r2);
      var w := WrittenValue(r1.data, channel, value);
      o.ops == [if reg == s.lastRegister[address] then ReadCurrent else ReadReg(reg), WriteReg(reg, w)]
  {
  }

  /** A failed write changes neither cache. */
  lemma FailedWriteKeepsCache(s: DioState, address: nat, reg: bv8, channel: bv8, value: bv8, useCache: bool,
                              r1: I2cReply, stale: bv8, r2: I2cReply)
    requires WellSized(s) && address < MAX_NUMBER_HATS
    requires RegWriteStep(s, address, reg, channel, value, useCache, r1, stale, r2).result != Success
    ensures var o := RegWriteStep(s, address, reg, channel, value, useCache, r1, stale, r2);
      o.state.outputPort == s.outputPort && o.state.direction == s.direction
  {
  }

  /**
   * The last register is tracked: once a write of a register has reached
   * the bus, the next read of the same register is a plain byte read.
   */
  lemma ReadAfterWriteSkipsRegister(s: DioState, address: nat, reg: bv8, channel: bv8, value: bv8, useCache: bool,
                                    r1: I2cReply, stale: bv8, r2: I2cReply, r3: I2cReply)
    requires WellSized(s) && address < MAX_NUMBER_HATS && !ChannelRejected(channel)
    requires Reached(r2) && Reached(r3)
    ensures var o := RegWriteStep(s, address, reg, channel, value, useCache, r1, stale, r2);
      I2cReadStep(o.state, address, reg, r3).ops == [ReadCurrent]
  {
    var o := RegWriteStep(s, address, reg, channel, value, useCache, r1, stale, r2);
    assert o.state.lastRegister[address] == reg;
  }

  /** A successful read of a cached register refreshes its cache with the byte read. */
  lemma ReadRefreshesCache(s: DioState, address: nat, reg: bv8, channel: bv8, reply: I2cReply)
    requires WellSized(s) && address < MAX_NUMBER_HATS && !ChannelRejected(channel) && Outcome(reply) == Success
    ensures var o := RegReadStep(s, address, reg, channel, reply);
      o.value == Some(ReadValue(reply.data, channel)) &&
      o.state.lastRegister[address] == reg &&
      (Cached(reg) ==> CacheOf(o.state, reg, address) == reply.data) &&
      (!Cached(reg) ==> o.state.outputPort == s.outputPort && o.state.direction == s.direction)
  {
  }

  /** A write or read of channel 8 is refused by the corrected check, with nothing sent. */
  lemma ChannelEightRefused(s: DioState, address: nat, reg: bv8, value: bv8, useCache: bool,
                            r1: I2cReply, stale: bv8, r2: I2cReply)
    requires WellSized(s)
    ensures RegWriteStep(s, address, reg, 8, value, useCache, r1, stale, r2) == WriteOutcome(BadParameter, [], s)
    ensures RegReadStep(s, address, reg, 8, r1) == ReadOutcome(BadParameter, None, [], s)
  {
  }

  /**
   * The first bus operation of _mcc152_dio_init as written: the source
   * resets last_register of entry 0 (dio_devices->last_register) rather
   * than of the address being opened.
   */
  function InitFirstOpAsWritten(s: DioState, address: nat): (op: I2cOp)
    requires WellSized(s) && address < MAX_NUMBER_HATS
    ensures op == ReadCurrent || op == ReadReg(DIO_REG_OUTPUT_PORT)
  {
    var reset := s.lastRegister[0 := 0xFF];
    if reset[address] == DIO_REG_OUTPUT_PORT then ReadCurrent else ReadReg(DIO_REG_OUTPUT_PORT)
  }

  /**
   * Board 1, whose last transaction was on OUTPUT_PORT, starts its
   * initialisation with a plain byte read, so its cache is filled from
   * whatever register the expander's register address was left on, which another
   * process may have moved.  The corrected InitStep always sends the
   * register number.
   */
  lemma InitSkipsRegisterAsWritten(portReply: I2cReply, configReply: I2cReply)
    requires Reached(portReply)
    ensures var s := DioState(seq(MAX_NUMBER_HATS, a => if a == 1 then DIO_REG_OUTPUT_PORT else 0),
                              seq(MAX_NUMBER_HATS, a => 0), seq(MAX_NUMBER_HATS, a => 0));
      InitFirstOpAsWritten(s, 1) == ReadCurrent &&
      InitStep(s, 1, portReply, configReply).ops[0] == ReadReg(DIO_REG_OUTPUT_PORT)
  {
  }

  // ---------------------------------------------------------------------
  // The library's static state

  /** dio_devices[], updated in place by the library's functions. */
  class DioBus {
    var lastRegister: seq<bv8>
    var outputPort: seq<bv8>
    var direction: seq<bv8>

    function State(): DioState
      reads this
    {
      DioState(lastRegister, outputPort, direction)
    }

    predicate Valid()
      reads this
    {
      WellSized(State())
    }

    /** The static array starts zeroed. */
    constructor ()
      ensures Valid()
      ensures forall a :: 0 <= a < MAX_NUMBER_HATS ==> lastRegister[a] == 0 && outputPort[a] == 0 && direction[a] == 0
    {
      lastRegister := seq(MAX_NUMBER_HATS, _ => 0);
      outputPort := seq(MAX_NUMBER_HATS, _ => 0);
      direction := seq(MAX_NUMBER_HATS, _ => 0);
    }

    method I2cWrite(address: nat, reg: bv8, value: bv8, reply: I2cReply) returns (result: ResultCode, ops: seq<I2cOp>)
      requires Valid()
      modifies this`lastRegister
      ensures Valid()
      ensures WriteOutcome(result, ops, State()) == I2cWriteStep(old(State()), address, reg, value, reply)
    {
      ops := [];
      if address >= MAX_NUMBER_HATS {
        return BadParameter, ops;
      }
      if !reply.deviceOpen {
        return ResourceUnavail, ops;
      }
      if !reply.addressed {
        return CommsFailure, ops;
      }
      ops := [WriteReg(reg, value)];
      result := if reply.transferred then Success else CommsFailure;
      lastRegister := lastRegister[address := reg];
    }

    method I2cRead(address: nat, reg: bv8, reply: I2cReply) returns (result: ResultCode, value: Option<bv8>, ops: seq<I2cOp>)
      requires Valid()
      modifies this`lastRegister
      ensures Valid()
      ensures ReadOutcome(result, value, ops, State()) == I2cReadStep(old(State()), address, reg, reply)
    {
      ops, value := [], None;
      if address >= MAX_NUMBER_HATS {
        return BadParameter, value, ops;
      }
      if !reply.deviceOpen {
        return ResourceUnavail, value, ops;
      }
      if !reply.addressed {
        return CommsFailure, value, ops;
      }
      ops := if reg == lastRegister[address] then [ReadCurrent] else [ReadReg(reg)];
      if !reply.transferred {
        return CommsFailure, value, ops;
      }
      value := Some(reply.data);
      lastRegister := lastRegister[address := reg];
      return Success, value, ops;
    }

    /** Updates the cache of a cached register after a successful transfer. */
    method UpdateCache(address: nat, reg: bv8, value: bv8)
      requires Valid() && address < MAX_NUMBER_HATS
      modifies this
      ensures Valid()
      ensures State() == Refresh(old(State()), address, reg, value)
    {
      if reg == DIO_REG_OUTPUT_PORT {
        outputPort := outputPort[address := value];
      } else if reg == DIO_REG_CONFIG {
        direction := direction[address := value];
      }
    }

    method RegWrite(address: nat, reg: bv8, channel: bv8, value: bv8, useCache: bool,
                    readReply: I2cReply, stale: bv8, writeReply: I2cReply)
      returns (result: ResultCode, ops: seq<I2cOp>)
      requires Valid()
      modifies this
      ensures Valid()
      ensures WriteOutcome(result, ops, State()) ==
        RegWriteStep(old(State()), address, reg, channel, value, useCache, readReply, stale, writeReply)
    {
      ops := [];
      if address >= MAX_NUMBER_HATS || (channel >= NUM_DIO_CHANNELS && channel != DIO_CHANNEL_ALL) {
        return BadParameter, ops;
      }
      var regValue: bv8;
      ghost var b := WriteBase(State(), address, reg, channel, useCache, readReply, stale);
      if channel == DIO_CHANNEL_ALL {
        regValue := value;
      } else {
        var base;
        base, ops := ReadBase(address, reg, channel, useCache, readReply, stale);
        regValue := RegSetBit(base, channel, value & 1);
      }
      assert regValue == WrittenValue(b.base, channel, value);
      assert State() == b.state && ops == b.ops;
      var writeOps;
      result, writeOps := I2cWrite(address, reg, regValue, writeReply);
      ops := ops + writeOps;
      if result == Success {
        UpdateCache(address, reg, regValue);
      }
    }

    /** The value a single-channel write starts from. */
    method ReadBase(address: nat, reg: bv8, channel: bv8, useCache: bool, readReply: I2cReply, stale: bv8)
      returns (base: bv8, ops: seq<I2cOp>)
      requires Valid() && address < MAX_NUMBER_HATS && channel != DIO_CHANNEL_ALL
      modifies this
      ensures Valid()
      ensures BaseRead(base, ops, State()) == WriteBase(old(State()), address, reg, channel, useCache, readReply, stale)
    {
      ops := [];
      if useCache && reg == DIO_REG_OUTPUT_PORT {
        base := outputPort[address];
      } else if useCache && reg == DIO_REG_CONFIG {
        base := direction[address];
      } else {
        var readResult, read;
        readResult, read, ops := I2cRead(address, reg, readReply);
        base := if read.Some? then read.value else stale;
      }
    }

    method RegRead(address: nat, reg: bv8, channel: bv8, reply: I2cReply)
      returns (result: ResultCode, value: Option<bv8>, ops: seq<I2cOp>)
      requires Valid()
      modifies this
      ensures Valid()
      ensures ReadOutcome(result, value, ops, State()) == RegReadStep(old(State()), address, reg, channel, reply)
    {
      ops, value := [], None;
      if address >= MAX_NUMBER_HATS || (channel >= NUM_DIO_CHANNELS && channel != DIO_CHANNEL_ALL) {
        return BadParameter, value, ops;
      }
      var read;
      result, read, ops := I2cRead(address, reg, reply);
      if result != Success {
        return result, read, ops;
      }
      var regValue := read.value;
      UpdateCache(address, reg, regValue);
      value := Some(if channel == DIO_CHANNEL_ALL then regValue else RegBit(regValue, channel));
    }

    method Init(address: nat, portReply: I2cReply, configReply: I2cReply) returns (result: ResultCode, ops: seq<I2cOp>)
      requires Valid()
      modifies this
      ensures Valid()
      ensures WriteOutcome(result, ops, State()) == InitStep(old(State()), address, portReply, configReply)
    {
      ops := [];
      if address >= MAX_NUMBER_HATS {
        return BadParameter, ops;
      }
      lastRegister := lastRegister[address := 0xFF];
      var port, config, more;
      result, port, ops := I2cRead(address, DIO_REG_OUTPUT_PORT, portReply);
      if result != Success {
        return;
      }
      outputPort := outputPort[address := port.value];
      result, config, more := I2cRead(address, DIO_REG_CONFIG, configReply);
      ops := ops + more;
      if result != Success {
        return;
      }
      direction := direction[address := config.value];
    }
  }
}
